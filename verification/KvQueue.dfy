/** Freed pages come back: the queue is served in order, and as soon as the readers allow it. */
module KvQueue {
  import opened Collections
  import opened KvAllocator
  import opened KvDb
  import opened KvDbInvariant
  import opened KvDbTheorems

  /** Every open reader started after the transaction that freed the page at the front of the queue. */
  ghost predicate FrontIsFree(s: Db) {
    s.alloc.queue != [] && forall rid {:trigger s.readers[rid]} :: rid in s.readers ==>
      s.readers[rid].tx > s.alloc.queue[0].tx
  }

  /** What a step takes from the queue. */
  ghost function Taken(s: Db, e: Event): seq<Freed> {
    if e.TakeIdEvent? && FrontIsFree(s) then [s.alloc.queue[0]] else []
  }

  /** What a step puts into the queue. */
  ghost function Added(s: Db, e: Event): seq<Freed> {
    if e.FreePageEvent? && s.writer.Busy? && s.writer.phase.Freeing?
    && s.writer.phase.queued < |s.writer.work.freed| then
      [Freed(s.writer.work.freed[s.writer.phase.queued], s.writer.tx)]
    else []
  }

  ghost function AllTaken(states: seq<Db>, events: seq<Event>, i: nat, j: nat): seq<Freed>
    requires i <= j <= |events| < |states|
  {
    if i == j then [] else AllTaken(states, events, i, j - 1) + Taken(states[j - 1], events[j - 1])
  }

  ghost function AllAdded(states: seq<Db>, events: seq<Event>, i: nat, j: nat): seq<Freed>
    requires i <= j <= |events| < |states|
  {
    if i == j then [] else AllAdded(states, events, i, j - 1) + Added(states[j - 1], events[j - 1])
  }

  ghost predicate NoCrash(events: seq<Event>, i: nat, j: nat)
    requires i <= j <= |events|
  {
    forall m :: i <= m < j ==> !events[m].CrashEvent?
  }

  lemma {:induction false} OldestIsLeast(s: Db, oldest: Option<nat>)
    requires TrackerOk(s.tracker, s.readers) && IsOldest(s.tracker, oldest) && s.alloc.queue != []
    ensures FrontIsFree(s) <==> oldest.None? || s.alloc.queue[0].tx < oldest.value
  {
    if oldest.Some? {
      assert |ReadersOf(s.readers, oldest.value)| > 0;
      var rid :| rid in ReadersOf(s.readers, oldest.value);
      assert s.readers[rid].tx == oldest.value;
    }
  }

  /** Allocation, exactly: the page at the front of the queue if every open reader started after it was freed, and
      the next new page otherwise. */
  lemma {:induction false} TakeIdExact(s: Db, t: Db, oldest: Option<nat>)
    requires TrackerOk(s.tracker, s.readers) && TakeId(s, t, oldest)
    ensures s.writer.Busy? && t.writer.Busy?
    ensures if FrontIsFree(s) then
              && t.alloc == s.alloc.(queue := s.alloc.queue[1..])
              && t.writer.work.spare == s.writer.work.spare + [s.alloc.queue[0].page]
            else
              && t.alloc.queue == s.alloc.queue && t.alloc.next == s.alloc.next + 1
              && t.writer.work.spare == s.writer.work.spare + [s.alloc.next]
              && t.alloc.reserved == if s.alloc.next < s.alloc.reserved then s.alloc.reserved
                 else s.alloc.reserved + 1024
  {
    if s.alloc.queue != [] {
      OldestIsLeast(s, oldest);
    }
  }

  lemma {:induction false} StepServes(pageSize: nat, s: Db, t: Db, e: Event)
    requires Inv(s) && Next(pageSize, s, t, e) && !e.CrashEvent?
    ensures s.alloc.queue + Added(s, e) == Taken(s, e) + t.alloc.queue
  {
    if e.TakeIdEvent? {
      TakeIdExact(s, t, e.oldest);
    } else {
      OthersKeepQueue(pageSize, s, t, e);
    }
  }

  lemma {:induction false} OthersKeepQueue(pageSize: nat, s: Db, t: Db, e: Event)
    requires Next(pageSize, s, t, e) && !e.CrashEvent? && !e.TakeIdEvent?
    ensures t.alloc.queue == s.alloc.queue + Added(s, e)
  {
  }

  /** First in, first out: between crashes, what was in the queue and what was put there since is what has been
      taken from it, in this order, and then what is in it now. A page is taken by each allocation that finds every
      open reader younger than the page at the front, and by no other. */
  lemma {:induction false} QueueIsServed(pageSize: nat, states: seq<Db>, events: seq<Event>, i: nat, j: nat)
    requires Run(pageSize, states, events) && i <= j < |states| && NoCrash(events, i, j)
    ensures states[i].alloc.queue + AllAdded(states, events, i, j)
            == AllTaken(states, events, i, j) + states[j].alloc.queue
    decreases j
  {
    if i < j {
      QueueIsServed(pageSize, states, events, i, j - 1);
      RunInv(pageSize, states, events, j - 1);
      assert StepAt(pageSize, states, events, j - 1);
      var s, e := states[j - 1], events[j - 1];
      StepServes(pageSize, s, states[j], e);
      ServedOn(states[i].alloc.queue, AllAdded(states, events, i, j - 1), Added(s, e),
               AllTaken(states, events, i, j - 1), s.alloc.queue, Taken(s, e), states[j].alloc.queue);
    }
  }

  lemma {:induction false} ServedOn<T>(q: seq<T>, added: seq<T>, a: seq<T>, taken: seq<T>, mid: seq<T>, t: seq<T>,
                                       last: seq<T>)
    requires q + added == taken + mid && mid + a == t + last
    ensures q + (added + a) == taken + t + last
  {
    assert q + (added + a) == (q + added) + a;
    assert (taken + mid) + a == taken + (mid + a);
    assert taken + (t + last) == taken + t + last;
  }

  /** How many page ids have been taken. */
  function Allocations(events: seq<Event>, i: nat, j: nat): nat
    requires i <= j <= |events|
  {
    if i == j then 0 else Allocations(events, i, j - 1) + if events[j - 1].TakeIdEvent? then 1 else 0
  }

  /** In every state between `i` and `j` every open reader started after transaction `tx`. */
  ghost predicate ReadersAfter(states: seq<Db>, i: nat, j: nat, tx: nat)
    requires i <= j <= |states|
  {
    forall m, rid {:trigger states[m].readers[rid]} :: i <= m < j && rid in states[m].readers ==>
      states[m].readers[rid].tx > tx
  }

  /** Reuse is not put off: unless a reader as old as its transaction is open, the page at position `k` of the queue
      is handed out by the allocation number `k` at the latest, counted from zero. */
  lemma {:induction false} FreedPageComesBack(pageSize: nat, states: seq<Db>, events: seq<Event>, i: nat, j: nat,
                                              k: nat)
    requires Run(pageSize, states, events) && i <= j < |states| && NoCrash(events, i, j)
    requires k < |states[i].alloc.queue| && ReadersAfter(states, i, j, states[i].alloc.queue[k].tx)
    requires Allocations(events, i, j) > k
    ensures |AllTaken(states, events, i, j)| > k && AllTaken(states, events, i, j)[k] == states[i].alloc.queue[k]
  {
    TakenAsOften(pageSize, states, events, i, j, k);
    QueueIsServed(pageSize, states, events, i, j);
    var q, added := states[i].alloc.queue, AllAdded(states, events, i, j);
    assert (q + added)[k] == q[k];
  }

  lemma {:induction false} TakenAsOften(pageSize: nat, states: seq<Db>, events: seq<Event>, i: nat, j: nat, k: nat)
    requires Run(pageSize, states, events) && i <= j < |states| && NoCrash(events, i, j)
    requires k < |states[i].alloc.queue| && ReadersAfter(states, i, j, states[i].alloc.queue[k].tx)
    ensures |AllTaken(states, events, i, j)| > k || |AllTaken(states, events, i, j)| == Allocations(events, i, j)
    decreases j
  {
    if i < j {
      TakenAsOften(pageSize, states, events, i, j - 1, k);
      if |AllTaken(states, events, i, j - 1)| <= k && events[j - 1].TakeIdEvent? {
        FrontIsNext(pageSize, states, events, i, j - 1, k);
      }
    }
  }

  lemma {:induction false} FrontIsNext(pageSize: nat, states: seq<Db>, events: seq<Event>, i: nat, j: nat, k: nat)
    requires Run(pageSize, states, events) && i <= j < |events| && NoCrash(events, i, j)
    requires k < |states[i].alloc.queue| && ReadersAfter(states, i, j + 1, states[i].alloc.queue[k].tx)
    requires |AllTaken(states, events, i, j)| <= k
    ensures FrontIsFree(states[j])
  {
    var q := states[i].alloc.queue;
    QueueIsServed(pageSize, states, events, i, j);
    QueueOrder(pageSize, states, events, i);
    FrontOf(q, AllAdded(states, events, i, j), AllTaken(states, events, i, j), states[j].alloc.queue);
    assert states[j].alloc.queue[0].tx <= q[k].tx;
  }

  lemma {:induction false} QueueOrder(pageSize: nat, states: seq<Db>, events: seq<Event>, i: nat)
    requires Run(pageSize, states, events) && i < |states|
    ensures var q := states[i].alloc.queue; forall x, y :: 0 <= x <= y < |q| ==> q[x].tx <= q[y].tx
  {
    RunInv(pageSize, states, events, i);
  }

  lemma {:induction false} FrontOf<T>(q: seq<T>, added: seq<T>, taken: seq<T>, mid: seq<T>)
    requires q + added == taken + mid && |taken| < |q|
    ensures mid != [] && mid[0] == q[|taken|]
  {
    assert |q + added| == |taken + mid|;
    assert mid != [];
    assert (q + added)[|taken|] == q[|taken|] && (taken + mid)[|taken|] == mid[0];
  }
}
