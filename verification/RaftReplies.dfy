/** What a client is told. */
module RaftReplies {
  import opened RaftTypes
  import opened RaftHistory
  import opened RaftSafety
  import opened RaftCluster
  import opened RaftTheorems

  /** Every answer a client has received reports the committed command sequence up to the index its
      command was given, and ends with the command applied there. That command is the client's own
      exactly when the applied entry still has the term in which the command was accepted. */
  lemma AnswersReportCommitted(c: Cluster, a: Answer)
    requires ClusterOk(c) && a in c.h.answers
    ensures a.ticket in c.h.accepted
    ensures var acc := c.h.accepted[a.ticket];
            && a.index == acc.index
            && a.entry.command.Apply? && |a.output| > 0
            && a.output[|a.output| - 1] == a.entry.command.command
            && (a.entry == Entry(acc.term, Apply(acc.command)) <==> a.entry.term == acc.term)
    ensures exists t: Term, i: nat :: Committed(c.h, t, i) && a.index <= i
                                   && a.output == Commands(c.h.leaderLog[t][..a.index + 1])
  {
    assert AnswerOk(c.h, a);
    var t: Term, i: nat :| AnswerFrom(c.h, a, t, i);
    assert Committed(c.h, t, i);
    var log := c.h.leaderLog[t][..a.index + 1];
    assert log[|log| - 1] == a.entry;
  }

  /** All answers ever given belong to one history of commands. */
  lemma AnswersAgree(c: Cluster, a: Answer, b: Answer)
    requires ClusterOk(c) && a in c.h.answers && b in c.h.answers && a.index <= b.index
    ensures a.output <= b.output && (a.index == b.index ==> a.entry == b.entry)
  {
    var h := c.h;
    assert AnswerOk(h, a);
    assert AnswerOk(h, b);
    var t: Term, i: nat :| AnswerFrom(h, a, t, i);
    var u: Term, j: nat :| AnswerFrom(h, b, u, j);
    CommittedLogsAgree(h, t, i, u, j, a.index);
    assert h.leaderLog[t][..a.index + 1][a.index] == h.leaderLog[u][..a.index + 1][a.index];
    assert h.leaderLog[u][..b.index + 1][..a.index + 1] == h.leaderLog[u][..a.index + 1];
    CommandsMonotone(h.leaderLog[u][..a.index + 1], h.leaderLog[u][..b.index + 1]);
  }

  lemma CommittedLogsAgree(h: History, t: Term, i: nat, u: Term, j: nat, k: nat)
    requires HistoryOk(h) && Committed(h, t, i) && Committed(h, u, j) && k <= i && k <= j
    ensures h.leaderLog[t][..k + 1] == h.leaderLog[u][..k + 1]
  {
    if t <= u {
      LeaderCompleteness(h, t, i, u);
      HoldsLess(h.leaderLog, h.leaderLog[u], t, i, k);
    } else {
      LeaderCompleteness(h, u, j, t);
      HoldsLess(h.leaderLog, h.leaderLog[t], u, j, k);
    }
  }

  /** A client waiting at an index is going to hear about its own command if and only if the entry the
      node holds there has the term in which the command was accepted. */
  lemma PendingIsOwn(c: Cluster, id: NodeId, i: nat)
    requires ClusterOk(c) && id in c.nodes && i in c.nodes[id].pending && i < |c.nodes[id].log|
    ensures c.nodes[id].pending[i] in c.h.accepted
    ensures var acc := c.h.accepted[c.nodes[id].pending[i]];
            c.nodes[id].log[i] == Entry(acc.term, Apply(acc.command)) <==> c.nodes[id].log[i].term == acc.term
  {
    var n := c.nodes[id];
    var ll := c.h.leaderLog;
    assert MemberOk(c, id);
    var acc := c.h.accepted[n.pending[i]];
    assert AcceptanceOk(c.h, n.pending[i]);
    assert Holds(ll, n.log, n.log[i].term, i);
    if n.log[i].term == acc.term {
      assert ll[acc.term][..i + 1][i] == n.log[..i + 1][i];
    }
  }
}
